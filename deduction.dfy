/** Proof-splicing maneuvers of propositional logic: building new proofs
    from valid proofs by copying their lines, shifting the line references of
    a second proof past the first, and appending a fixed tail of axiom
    instances and Modus Ponens lines. */
module Deduction {
  import opened Syntax
  import opened Proofs

  // ---------------------------------------------------------------------
  // Splicing lines

  /** Line `l` moved `offset` places down a proof: an assumption line is
      kept as it is, any other line has every reference increased by
      `offset`. */
  function ShiftLine(l: Line, offset: nat): Line
  {
    if l.IsAssumption() then l
    else Line(l.formula, l.rule, seq(|l.refs|, k requires 0 <= k < |l.refs| => l.refs[k] + offset))
  }

  /** Every reference of every line points to an earlier line. */
  ghost predicate RefsBackward(lines: seq<Line>)
  {
    forall i, k :: 0 <= i < |lines| && 0 <= k < |lines[i].refs| ==> lines[i].refs[k] < i
  }

  /** Appends the lines of `source` one by one, unchanged. */
  method AppendLines(lines: seq<Line>, source: seq<Line>) returns (out: seq<Line>)
    ensures out == lines + source
  {
    out := lines;
    for k := 0 to |source|
      invariant out == lines + source[..k]
    {
      out := out + [source[k]];
      assert source[..k + 1] == source[..k] + [source[k]];
    }
  }

  /** Appends the lines of `source` one by one, each shifted by `offset`. */
  method AppendShifted(lines: seq<Line>, source: seq<Line>, offset: nat) returns (out: seq<Line>)
    ensures |out| == |lines| + |source|
    ensures out[..|lines|] == lines
    ensures forall k :: 0 <= k < |source| ==> out[|lines| + k] == ShiftLine(source[k], offset)
  {
    out := lines;
    for k := 0 to |source|
      invariant |out| == |lines| + k
      invariant out[..|lines|] == lines
      invariant forall j :: 0 <= j < k ==> out[|lines| + j] == ShiftLine(source[j], offset)
    {
      var line := source[k];
      if line.IsAssumption() {
        out := out + [line];
      } else {
        var newRefs := seq(|line.refs|, j requires 0 <= j < |line.refs| => line.refs[j] + offset);
        out := out + [Line(line.formula, line.rule, newRefs)];
      }
    }
  }

  /** A justified line stays justified when it is moved `offset` places down
      into a proof with the same assumptions, at least the same rules, and
      the same formulas at the moved positions of the lines before it. */
  lemma ShiftedLineValid(p: Proof, q: Proof, i: nat, offset: nat)
    requires i < |p.lines| && offset + i < |q.lines|
    requires q.lines[offset + i] == ShiftLine(p.lines[i], offset)
    requires forall k :: 0 <= k < i ==> q.lines[offset + k].formula == p.lines[k].formula
    requires p.statement.assumptions == q.statement.assumptions
    requires p.rules <= q.rules
    requires LineValid(p, i)
    ensures LineValid(q, offset + i)
  {
    var l := p.lines[i];
    if !l.IsAssumption() {
      var moved := q.lines[offset + i];
      assert forall k :: 0 <= k < |l.refs| ==> moved.refs[k] == l.refs[k] + offset;
      assert RefFormulas(q.lines, moved.refs) == RefFormulas(p.lines, l.refs);
    }
  }

  /** Every line of the valid proof `p`, moved `offset` places down into
      `q`, is justified in `q`. */
  lemma SplicedLinesValid(p: Proof, q: Proof, offset: nat)
    requires IsValid(p)
    requires offset + |p.lines| <= |q.lines|
    requires forall k :: 0 <= k < |p.lines| ==> q.lines[offset + k] == ShiftLine(p.lines[k], offset)
    requires p.statement.assumptions == q.statement.assumptions
    requires p.rules <= q.rules
    ensures forall i :: offset <= i < offset + |p.lines| ==> LineValid(q, i)
  {
    forall i | offset <= i < offset + |p.lines|
      ensures LineValid(q, i)
    {
      ShiftedLineValid(p, q, i - offset, offset);
    }
  }

  /** A line that is justified refers only to earlier lines. */
  lemma ValidLineRefsBackward(p: Proof, i: nat)
    requires i < |p.lines| && LineValid(p, i)
    ensures forall k :: 0 <= k < |p.lines[i].refs| ==> p.lines[i].refs[k] < i
  {
  }

  lemma ShiftLineZero(l: Line)
    ensures ShiftLine(l, 0) == l
  {
    if !l.IsAssumption() {
      assert seq(|l.refs|, j requires 0 <= j < |l.refs| => l.refs[j] + 0) == l.refs;
    }
  }

  // ---------------------------------------------------------------------
  // prove_corollary

  /** A line that cites `cited` and refers to nothing is justified exactly
      when `cited` is a rule of the proof and the line's formula, as a rule
      without assumptions, is a specialization of it. */
  lemma CitedLineValid(q: Proof, j: nat, f: Formula, cited: Rule)
    requires j < |q.lines| && q.lines[j] == Line(f, Some(cited), [])
    ensures LineValid(q, j) <==> cited in q.rules && IsSpecializationOf(Rule([], f), cited)
  {
    assert RefFormulas(q.lines, []) == [];
  }

  /** A Modus Ponens line whose two earlier references hold `A` and
      `(A->f)` is justified. */
  lemma MPLineValid(q: Proof, j: nat, f: Formula, i1: nat, i2: nat)
    requires j < |q.lines| && i1 < j && i2 < j
    requires q.lines[j] == Line(f, Some(MP), [i1, i2])
    requires MP in q.rules
    requires q.lines[i2].formula == Implies(q.lines[i1].formula, f)
    ensures LineValid(q, j)
  {
    var a := q.lines[i1].formula;
    assert RefFormulas(q.lines, [i1, i2]) == [a, Implies(a, f)];
    MPInstance(Rule([a, Implies(a, f)], f));
  }

  /** When every line but line `j` is justified and the last line holds the
      conclusion, the proof is valid exactly when line `j` is justified. */
  lemma ValidExceptOne(q: Proof, j: nat)
    requires j < |q.lines|
    requires q.lines[|q.lines| - 1].formula == q.statement.conclusion
    requires forall i :: 0 <= i < |q.lines| && i != j ==> LineValid(q, i)
    ensures IsValid(q) <==> LineValid(q, j)
  {
  }

  /** When every line but line `j` is justified and line `j` refers to
      nothing, every reference points backwards. */
  lemma RefsBackwardExceptOne(q: Proof, j: nat)
    requires j < |q.lines| && q.lines[j].refs == []
    requires forall i :: 0 <= i < |q.lines| && i != j ==> LineValid(q, i)
    ensures RefsBackward(q.lines)
  {
    forall i | 0 <= i < |q.lines| && i != j
      ensures forall k :: 0 <= k < |q.lines[i].refs| ==> q.lines[i].refs[k] < i
    {
      ValidLineRefsBackward(q, i);
    }
  }

  /** The lines of a valid proof, copied to the top of `q`, are justified in
      `q`. */
  lemma PrefixLinesValid(p: Proof, q: Proof)
    requires IsValid(p)
    requires |p.lines| <= |q.lines| && q.lines[..|p.lines|] == p.lines
    requires p.statement.assumptions == q.statement.assumptions
    requires p.rules <= q.rules
    ensures forall i :: 0 <= i < |p.lines| ==> LineValid(q, i)
    ensures q.lines[|p.lines| - 1].formula == p.statement.conclusion
  {
    forall i | 0 <= i < |p.lines|
      ensures LineValid(q, i)
    {
      assert q.lines[i] == q.lines[..|p.lines|][i];
      ShiftLineZero(p.lines[i]);
      forall k | 0 <= k < i
        ensures q.lines[k].formula == p.lines[k].formula
      {
        assert q.lines[k] == q.lines[..|p.lines|][k];
      }
      ShiftedLineValid(p, q, i, 0);
    }
    assert q.lines[|p.lines| - 1] == q.lines[..|p.lines|][|p.lines| - 1];
  }

  /** The corollary layout: the lines of a valid proof of `A`, then `(A->C)`
      citing `cited` with no references, then `C` by Modus Ponens from the
      last line of the proof of `A` and the line before. Every line except
      the one citing `cited` is justified, and the whole is a valid proof
      exactly when `cited` is a rule of the result of which `(A->C)` is a
      specialization. */
  lemma CorollaryLayoutValidity(p: Proof, c: Formula, cited: Rule, q: Proof)
    requires IsValid(p)
    requires q.statement == Rule(p.statement.assumptions, c)
    requires p.rules + {MP} <= q.rules
    requires |q.lines| == |p.lines| + 2
    requires q.lines[..|p.lines|] == p.lines
    requires q.lines[|p.lines|] == Line(Implies(p.statement.conclusion, c), Some(cited), [])
    requires q.lines[|p.lines| + 1] == Line(c, Some(MP), [|p.lines| - 1, |p.lines|])
    ensures forall i :: 0 <= i < |q.lines| && i != |p.lines| ==> LineValid(q, i)
    ensures RefsBackward(q.lines)
    ensures IsValid(q) <==> cited in q.rules && IsSpecializationOf(Rule([], Implies(p.statement.conclusion, c)), cited)
  {
    var n := |p.lines|;
    var a := p.statement.conclusion;
    PrefixLinesValid(p, q);
    MPLineValid(q, n + 1, c, n - 1, n);
    CitedLineValid(q, n, Implies(a, c), cited);
    ValidExceptOne(q, n);
    RefsBackwardExceptOne(q, n);
  }

  /** prove_corollary as written: the lines of `antecedentProof`, then the
      specialized `(A->C)` line, then `C` by Modus Ponens. The new line cites
      the specialized rule rather than `conditional`, so the result is a
      valid proof exactly when that specialized rule happens to be one of
      the result's rules. */
  method ProveCorollary(antecedentProof: Proof, consequent: Formula, conditional: Rule,
                        specialization: map<string, Formula>)
    returns (result: Proof)
    requires IsValid(antecedentProof)
    requires Specialize(conditional, specialization) == Rule([], Implies(antecedentProof.statement.conclusion, consequent))
    ensures |result.lines| == |antecedentProof.lines| + 2
    ensures result.lines[..|antecedentProof.lines|] == antecedentProof.lines
    ensures result.lines[|antecedentProof.lines|] ==
            Line(Implies(antecedentProof.statement.conclusion, consequent), Some(Specialize(conditional, specialization)), [])
    ensures result.lines[|antecedentProof.lines| + 1] ==
            Line(consequent, Some(MP), [|antecedentProof.lines| - 1, |antecedentProof.lines|])
    ensures result.statement == Rule(antecedentProof.statement.assumptions, consequent)
    ensures result.rules == antecedentProof.rules + {MP, conditional}
    ensures RefsBackward(result.lines)
    ensures IsValid(result) <==> Specialize(conditional, specialization) in result.rules
  {
    var specializedConditional := Specialize(conditional, specialization);
    var antecedentLine := |antecedentProof.lines| - 1;
    var implicationLine := antecedentLine + 1;
    var lines := AppendLines([], antecedentProof.lines);
    lines := lines + [Line(specializedConditional.conclusion, Some(specializedConditional), [])];
    lines := lines + [Line(consequent, Some(MP), [antecedentLine, implicationLine])];
    var rules := antecedentProof.rules + {MP, conditional};
    result := Proof(Rule(antecedentProof.statement.assumptions, consequent), rules, lines);
    SpecializationReflexive(specializedConditional);
    CorollaryLayoutValidity(antecedentProof, consequent, specializedConditional, result);
  }

  /** An input on which prove_corollary as written returns an invalid proof:
      the one-line proof of `x` from `[x]`, the consequent `~~x` and the rule
      `(p->~~p)` specialized by `p := x`. The specialized rule
      `(x->~~x)` is neither `MP`, nor `(p->~~p)`, nor a rule of the input. */
  lemma CorollaryCounterexample()
    ensures var p := Proof(Rule([Var("x")], Var("x")), {}, [Line(Var("x"), None, [])]);
            var conditional := Rule([], Implies(Var("p"), Not(Not(Var("p")))));
            var specialization := map["p" := Var("x")];
            && IsValid(p)
            && Specialize(conditional, specialization) == Rule([], Implies(p.statement.conclusion, Not(Not(Var("x")))))
            && Specialize(conditional, specialization) !in p.rules + {MP, conditional}
  {
    var p := Proof(Rule([Var("x")], Var("x")), {}, [Line(Var("x"), None, [])]);
    assert LineValid(p, 0);
    var conditional := Rule([], Implies(Var("p"), Not(Not(Var("p")))));
    var specialization := map["p" := Var("x")];
    assert Substitute(Var("p"), specialization) == Var("x");
    assert Substitute(Not(Var("p")), specialization) == Not(Var("x"));
    assert Specialize(conditional, specialization).assumptions == [];
    assert Specialize(conditional, specialization) == Rule([], Implies(Var("x"), Not(Not(Var("x")))));
    assert Var("x") != Var("p");
  }

  /** The proof prove_corollary as written returns on the input of
      `CorollaryCounterexample` (the layout `ProveCorollary` ensures:
      `x`, then `(x->~~x)` citing the specialized rule, then `~~x` by Modus
      Ponens, via `MP` and `(p->~~p)`) is not valid. */
  lemma CorollaryAsWrittenInvalid()
    ensures var x := Var("x");
            var conditional := Rule([], Implies(Var("p"), Not(Not(Var("p")))));
            var cited := Rule([], Implies(x, Not(Not(x))));
            !IsValid(Proof(Rule([x], Not(Not(x))), {MP, conditional},
                           [Line(x, None, []), Line(Implies(x, Not(Not(x))), Some(cited), []),
                            Line(Not(Not(x)), Some(MP), [0, 1])]))
  {
    CorollaryCounterexample();
    var x := Var("x");
    var conditional := Rule([], Implies(Var("p"), Not(Not(Var("p")))));
    var cited := Rule([], Implies(x, Not(Not(x))));
    var p := Proof(Rule([x], x), {}, [Line(x, None, [])]);
    var q := Proof(Rule([x], Not(Not(x))), {MP, conditional},
                   [Line(x, None, []), Line(Implies(x, Not(Not(x))), Some(cited), []),
                    Line(Not(Not(x)), Some(MP), [0, 1])]);
    assert q.lines[..1] == p.lines;
    CorollaryLayoutValidity(p, Not(Not(x)), cited, q);
  }

  /** prove_corollary with the new line citing `conditional` itself, the
      rule the result's rule set contains: always a valid proof of the
      consequent. */
  method ProveCorollaryCorrected(antecedentProof: Proof, consequent: Formula, conditional: Rule,
                                 specialization: map<string, Formula>)
    returns (result: Proof)
    requires IsValid(antecedentProof)
    requires Specialize(conditional, specialization) == Rule([], Implies(antecedentProof.statement.conclusion, consequent))
    ensures |result.lines| == |antecedentProof.lines| + 2
    ensures result.lines[..|antecedentProof.lines|] == antecedentProof.lines
    ensures result.lines[|antecedentProof.lines|] ==
            Line(Implies(antecedentProof.statement.conclusion, consequent), Some(conditional), [])
    ensures result.statement == Rule(antecedentProof.statement.assumptions, consequent)
    ensures result.rules == antecedentProof.rules + {MP, conditional}
    ensures IsValid(result)
  {
    var specializedConditional := Specialize(conditional, specialization);
    var antecedentLine := |antecedentProof.lines| - 1;
    var implicationLine := antecedentLine + 1;
    var lines := AppendLines([], antecedentProof.lines);
    lines := lines + [Line(specializedConditional.conclusion, Some(conditional), [])];
    lines := lines + [Line(consequent, Some(MP), [antecedentLine, implicationLine])];
    var rules := antecedentProof.rules + {MP, conditional};
    result := Proof(Rule(antecedentProof.statement.assumptions, consequent), rules, lines);
    CorollaryLayoutValidity(antecedentProof, consequent, conditional, result);
  }

  // ---------------------------------------------------------------------
  // combine_proofs

  /** The layout shared by combine_proofs and prove_from_opposites: the
      lines of `p1`, then the lines of `p2` shifted by `|p1.lines|`; all of
      them are justified in `q`. */
  lemma TwoProofSpliceValid(p1: Proof, p2: Proof, q: Proof)
    requires IsValid(p1) && IsValid(p2)
    requires p1.statement.assumptions == p2.statement.assumptions == q.statement.assumptions
    requires p1.rules == p2.rules && p1.rules <= q.rules
    requires |p1.lines| + |p2.lines| <= |q.lines|
    requires q.lines[..|p1.lines|] == p1.lines
    requires forall k :: 0 <= k < |p2.lines| ==> q.lines[|p1.lines| + k] == ShiftLine(p2.lines[k], |p1.lines|)
    ensures forall i :: 0 <= i < |p1.lines| + |p2.lines| ==> LineValid(q, i)
    ensures q.lines[|p1.lines| - 1].formula == p1.statement.conclusion
    ensures q.lines[|p1.lines| + |p2.lines| - 1].formula == p2.statement.conclusion
  {
    PrefixLinesValid(p1, q);
    SplicedLinesValid(p2, q, |p1.lines|);
    assert q.lines[|p1.lines| + |p2.lines| - 1] == ShiftLine(p2.lines[|p2.lines| - 1], |p1.lines|);
  }

  /** The combine_proofs layout: the proof of `A`, the shifted proof of `B`,
      then `(A->(B->C))` citing `cited`, `(B->C)` by Modus Ponens from lines
      `n1-1` and `n1+n2`, and `C` by Modus Ponens from lines `n1+n2-1` and
      `n1+n2+1`. Every line except the one citing `cited` is justified, and
      the whole is valid exactly when `cited` is a rule of the result of
      which `(A->(B->C))` is a specialization. */
  lemma CombineLayoutValidity(p1: Proof, p2: Proof, c: Formula, cited: Rule, q: Proof)
    requires IsValid(p1) && IsValid(p2)
    requires p1.statement.assumptions == p2.statement.assumptions
    requires p1.rules == p2.rules
    requires q.statement == Rule(p1.statement.assumptions, c)
    requires p1.rules + {MP} <= q.rules
    requires |q.lines| == |p1.lines| + |p2.lines| + 3
    requires q.lines[..|p1.lines|] == p1.lines
    requires forall k :: 0 <= k < |p2.lines| ==> q.lines[|p1.lines| + k] == ShiftLine(p2.lines[k], |p1.lines|)
    requires var n1, n2, a, b := |p1.lines|, |p2.lines|, p1.statement.conclusion, p2.statement.conclusion;
             && q.lines[n1 + n2] == Line(Implies(a, Implies(b, c)), Some(cited), [])
             && q.lines[n1 + n2 + 1] == Line(Implies(b, c), Some(MP), [n1 - 1, n1 + n2])
             && q.lines[n1 + n2 + 2] == Line(c, Some(MP), [n1 + n2 - 1, n1 + n2 + 1])
    ensures forall i :: 0 <= i < |q.lines| && i != |p1.lines| + |p2.lines| ==> LineValid(q, i)
    ensures RefsBackward(q.lines)
    ensures IsValid(q) <==>
            cited in q.rules &&
            IsSpecializationOf(Rule([], Implies(p1.statement.conclusion, Implies(p2.statement.conclusion, c))), cited)
  {
    var n1, n2, a, b := |p1.lines|, |p2.lines|, p1.statement.conclusion, p2.statement.conclusion;
    TwoProofSpliceValid(p1, p2, q);
    MPLineValid(q, n1 + n2 + 1, Implies(b, c), n1 - 1, n1 + n2);
    MPLineValid(q, n1 + n2 + 2, c, n1 + n2 - 1, n1 + n2 + 1);
    CitedLineValid(q, n1 + n2, Implies(a, Implies(b, c)), cited);
    ValidExceptOne(q, n1 + n2);
    RefsBackwardExceptOne(q, n1 + n2);
  }

  /** combine_proofs as written: the lines of `antecedent1Proof`, the lines
      of `antecedent2Proof` shifted past them, the specialized
      `(A->(B->C))` line and two Modus Ponens lines. As in prove_corollary,
      the new line cites the specialized rule rather than
      `doubleConditional`, so the result is valid exactly when that
      specialized rule is one of the result's rules. */
  method CombineProofs(antecedent1Proof: Proof, antecedent2Proof: Proof, consequent: Formula,
                       doubleConditional: Rule, specialization: map<string, Formula>)
    returns (result: Proof)
    requires IsValid(antecedent1Proof) && IsValid(antecedent2Proof)
    requires antecedent1Proof.statement.assumptions == antecedent2Proof.statement.assumptions
    requires antecedent1Proof.rules == antecedent2Proof.rules
    requires Specialize(doubleConditional, specialization) ==
             Rule([], Implies(antecedent1Proof.statement.conclusion,
                              Implies(antecedent2Proof.statement.conclusion, consequent)))
    ensures var n1, n2 := |antecedent1Proof.lines|, |antecedent2Proof.lines|;
            && |result.lines| == n1 + n2 + 3
            && result.lines[..n1] == antecedent1Proof.lines
            && (forall k :: 0 <= k < n2 ==> result.lines[n1 + k] == ShiftLine(antecedent2Proof.lines[k], n1))
            && result.lines[n1 + n2] ==
               Line(Specialize(doubleConditional, specialization).conclusion,
                    Some(Specialize(doubleConditional, specialization)), [])
            && result.lines[n1 + n2 + 1] ==
               Line(Implies(antecedent2Proof.statement.conclusion, consequent), Some(MP), [n1 - 1, n1 + n2])
            && result.lines[n1 + n2 + 2] == Line(consequent, Some(MP), [n1 + n2 - 1, n1 + n2 + 1])
    ensures result.statement == Rule(antecedent1Proof.statement.assumptions, consequent)
    ensures result.rules == antecedent1Proof.rules + {MP, doubleConditional}
    ensures RefsBackward(result.lines)
    ensures IsValid(result) <==> Specialize(doubleConditional, specialization) in result.rules
  {
    var specializedDoubleConditional := Specialize(doubleConditional, specialization);
    var totalLinesFromProof1 := |antecedent1Proof.lines|;
    var totalLinesFromProof2 := |antecedent2Proof.lines|;
    var lines := AppendLines([], antecedent1Proof.lines);
    lines := AppendShifted(lines, antecedent2Proof.lines, totalLinesFromProof1);
    lines := lines + [Line(specializedDoubleConditional.conclusion, Some(specializedDoubleConditional), [])];
    lines := lines + [Line(Implies(antecedent2Proof.statement.conclusion, consequent), Some(MP),
                           [totalLinesFromProof1 - 1, totalLinesFromProof1 + totalLinesFromProof2])];
    lines := lines + [Line(consequent, Some(MP),
                           [totalLinesFromProof1 + totalLinesFromProof2 - 1,
                            totalLinesFromProof1 + totalLinesFromProof2 + 1])];
    var rules := antecedent1Proof.rules + {MP, doubleConditional};
    result := Proof(Rule(antecedent1Proof.statement.assumptions, consequent), rules, lines);
    SpecializationReflexive(specializedDoubleConditional);
    CombineLayoutValidity(antecedent1Proof, antecedent2Proof, consequent, specializedDoubleConditional, result);
  }

  /** An input on which combine_proofs as written returns an invalid proof:
      one-line proofs of `x` and of `y` from `[x, y]`, the consequent
      `(x&y)`, and the rule `(p->(q->(p&q)))` specialized by `p := x`,
      `q := y`. */
  lemma CombineCounterexample()
    ensures var assumptions := [Var("x"), Var("y")];
            var p1 := Proof(Rule(assumptions, Var("x")), {}, [Line(Var("x"), None, [])]);
            var p2 := Proof(Rule(assumptions, Var("y")), {}, [Line(Var("y"), None, [])]);
            var doubleConditional := Rule([], Implies(Var("p"), Implies(Var("q"), And(Var("p"), Var("q")))));
            var specialization := map["p" := Var("x"), "q" := Var("y")];
            && IsValid(p1) && IsValid(p2)
            && Specialize(doubleConditional, specialization) ==
               Rule([], Implies(Var("x"), Implies(Var("y"), And(Var("x"), Var("y")))))
            && Specialize(doubleConditional, specialization) !in p1.rules + {MP, doubleConditional}
  {
    var assumptions := [Var("x"), Var("y")];
    var p1 := Proof(Rule(assumptions, Var("x")), {}, [Line(Var("x"), None, [])]);
    var p2 := Proof(Rule(assumptions, Var("y")), {}, [Line(Var("y"), None, [])]);
    assert LineValid(p1, 0);
    assert LineValid(p2, 0);
    var doubleConditional := Rule([], Implies(Var("p"), Implies(Var("q"), And(Var("p"), Var("q")))));
    var specialization := map["p" := Var("x"), "q" := Var("y")];
    assert Substitute(Var("p"), specialization) == Var("x");
    assert Substitute(Var("q"), specialization) == Var("y");
    assert Substitute(And(Var("p"), Var("q")), specialization) == And(Var("x"), Var("y"));
    assert Substitute(Implies(Var("q"), And(Var("p"), Var("q"))), specialization) ==
           Implies(Var("y"), And(Var("x"), Var("y")));
    assert Specialize(doubleConditional, specialization).assumptions == [];
    assert Var("x") != Var("p");
  }

  /** The proof combine_proofs as written returns on the input of
      `CombineCounterexample` (the layout `CombineProofs` ensures: `x`,
      `y`, then `(x->(y->(x&y)))` citing the specialized rule and two Modus
      Ponens lines, via `MP` and `(p->(q->(p&q)))`) is not valid. */
  lemma CombineAsWrittenInvalid()
    ensures var x, y := Var("x"), Var("y");
            var doubleConditional := Rule([], Implies(Var("p"), Implies(Var("q"), And(Var("p"), Var("q")))));
            var cited := Rule([], Implies(x, Implies(y, And(x, y))));
            !IsValid(Proof(Rule([x, y], And(x, y)), {MP, doubleConditional},
                           [Line(x, None, []), Line(y, None, []),
                            Line(Implies(x, Implies(y, And(x, y))), Some(cited), []),
                            Line(Implies(y, And(x, y)), Some(MP), [0, 2]),
                            Line(And(x, y), Some(MP), [1, 3])]))
  {
    CombineCounterexample();
    var x, y := Var("x"), Var("y");
    var doubleConditional := Rule([], Implies(Var("p"), Implies(Var("q"), And(Var("p"), Var("q")))));
    var cited := Rule([], Implies(x, Implies(y, And(x, y))));
    var p1 := Proof(Rule([x, y], x), {}, [Line(x, None, [])]);
    var p2 := Proof(Rule([x, y], y), {}, [Line(y, None, [])]);
    var q := Proof(Rule([x, y], And(x, y)), {MP, doubleConditional},
                   [Line(x, None, []), Line(y, None, []),
                    Line(Implies(x, Implies(y, And(x, y))), Some(cited), []),
                    Line(Implies(y, And(x, y)), Some(MP), [0, 2]),
                    Line(And(x, y), Some(MP), [1, 3])]);
    assert q.lines[..1] == p1.lines;
    assert q.lines[1] == ShiftLine(p2.lines[0], 1);
    CombineLayoutValidity(p1, p2, And(x, y), cited, q);
  }

  /** combine_proofs with the new line citing `doubleConditional` itself:
      always a valid proof of the consequent. */
  method CombineProofsCorrected(antecedent1Proof: Proof, antecedent2Proof: Proof, consequent: Formula,
                                doubleConditional: Rule, specialization: map<string, Formula>)
    returns (result: Proof)
    requires IsValid(antecedent1Proof) && IsValid(antecedent2Proof)
    requires antecedent1Proof.statement.assumptions == antecedent2Proof.statement.assumptions
    requires antecedent1Proof.rules == antecedent2Proof.rules
    requires Specialize(doubleConditional, specialization) ==
             Rule([], Implies(antecedent1Proof.statement.conclusion,
                              Implies(antecedent2Proof.statement.conclusion, consequent)))
    ensures |result.lines| == |antecedent1Proof.lines| + |antecedent2Proof.lines| + 3
    ensures result.lines[..|antecedent1Proof.lines|] == antecedent1Proof.lines
    ensures result.lines[|antecedent1Proof.lines| + |antecedent2Proof.lines|].rule == Some(doubleConditional)
    ensures result.statement == Rule(antecedent1Proof.statement.assumptions, consequent)
    ensures result.rules == antecedent1Proof.rules + {MP, doubleConditional}
    ensures IsValid(result)
  {
    var specializedDoubleConditional := Specialize(doubleConditional, specialization);
    var totalLinesFromProof1 := |antecedent1Proof.lines|;
    var totalLinesFromProof2 := |antecedent2Proof.lines|;
    var lines := AppendLines([], antecedent1Proof.lines);
    lines := AppendShifted(lines, antecedent2Proof.lines, totalLinesFromProof1);
    lines := lines + [Line(specializedDoubleConditional.conclusion, Some(doubleConditional), [])];
    lines := lines + [Line(Implies(antecedent2Proof.statement.conclusion, consequent), Some(MP),
                           [totalLinesFromProof1 - 1, totalLinesFromProof1 + totalLinesFromProof2])];
    lines := lines + [Line(consequent, Some(MP),
                           [totalLinesFromProof1 + totalLinesFromProof2 - 1,
                            totalLinesFromProof1 + totalLinesFromProof2 + 1])];
    var rules := antecedent1Proof.rules + {MP, doubleConditional};
    result := Proof(Rule(antecedent1Proof.statement.assumptions, consequent), rules, lines);
    CombineLayoutValidity(antecedent1Proof, antecedent2Proof, consequent, doubleConditional, result);
  }

  // ---------------------------------------------------------------------
  // prove_from_opposites

  /** prove_from_opposites: the proof of `A`, the proof of `~A` shifted past
      it, then `(~A->(A->C))` citing `I2`, `(A->C)` by Modus Ponens from
      lines `n1+n2-1` and `n1+n2`, and `C` by Modus Ponens from lines `n1-1`
      and `n1+n2+1`. The result is a valid proof of `conclusion`, whatever
      `conclusion` is. */
  method ProveFromOpposites(proofOfAffirmation: Proof, proofOfNegation: Proof, conclusion: Formula)
    returns (result: Proof)
    requires IsValid(proofOfAffirmation) && IsValid(proofOfNegation)
    requires proofOfAffirmation.statement.assumptions == proofOfNegation.statement.assumptions
    requires proofOfNegation.statement.conclusion == Not(proofOfAffirmation.statement.conclusion)
    requires proofOfAffirmation.rules == proofOfNegation.rules
    ensures var n1, n2, a := |proofOfAffirmation.lines|, |proofOfNegation.lines|, proofOfAffirmation.statement.conclusion;
            && |result.lines| == n1 + n2 + 3
            && result.lines[..n1] == proofOfAffirmation.lines
            && (forall k :: 0 <= k < n2 ==> result.lines[n1 + k] == ShiftLine(proofOfNegation.lines[k], n1))
            && result.lines[n1 + n2] == Line(Implies(Not(a), Implies(a, conclusion)), Some(I2), [])
            && result.lines[n1 + n2 + 1] == Line(Implies(a, conclusion), Some(MP), [n1 + n2 - 1, n1 + n2])
            && result.lines[n1 + n2 + 2] == Line(conclusion, Some(MP), [n1 - 1, n1 + n2 + 1])
    ensures result.statement == Rule(proofOfAffirmation.statement.assumptions, conclusion)
    ensures result.rules == proofOfAffirmation.rules + {MP, I2}
    ensures IsValid(result)
  {
    var affirmation := proofOfAffirmation.statement.conclusion;
    var i2Formula := Implies(Not(affirmation), Implies(affirmation, conclusion));
    var lines := AppendLines([], proofOfAffirmation.lines);
    var offsetAffirmation := |lines| - 1;
    lines := AppendShifted(lines, proofOfNegation.lines, offsetAffirmation + 1);
    var offsetNegationEnd := |lines| - 1;
    lines := lines + [Line(i2Formula, Some(I2), [])];
    var i2Line := |lines| - 1;
    lines := lines + [Line(Implies(affirmation, conclusion), Some(MP), [offsetNegationEnd, i2Line])];
    lines := lines + [Line(conclusion, Some(MP), [offsetAffirmation, |lines| - 1])];
    var rules := proofOfAffirmation.rules + {MP, I2};
    result := Proof(Rule(proofOfAffirmation.statement.assumptions, conclusion), rules, lines);
    OppositesLayoutValid(proofOfAffirmation, proofOfNegation, conclusion, result);
  }

  lemma OppositesLayoutValid(p1: Proof, p2: Proof, c: Formula, q: Proof)
    requires IsValid(p1) && IsValid(p2)
    requires p1.statement.assumptions == p2.statement.assumptions
    requires p2.statement.conclusion == Not(p1.statement.conclusion)
    requires p1.rules == p2.rules
    requires q.statement == Rule(p1.statement.assumptions, c)
    requires q.rules == p1.rules + {MP, I2}
    requires var n1, n2, a := |p1.lines|, |p2.lines|, p1.statement.conclusion;
             && |q.lines| == n1 + n2 + 3
             && q.lines[..n1] == p1.lines
             && (forall k :: 0 <= k < n2 ==> q.lines[n1 + k] == ShiftLine(p2.lines[k], n1))
             && q.lines[n1 + n2] == Line(Implies(Not(a), Implies(a, c)), Some(I2), [])
             && q.lines[n1 + n2 + 1] == Line(Implies(a, c), Some(MP), [n1 + n2 - 1, n1 + n2])
             && q.lines[n1 + n2 + 2] == Line(c, Some(MP), [n1 - 1, n1 + n2 + 1])
    ensures IsValid(q)
  {
    var n1, n2, a := |p1.lines|, |p2.lines|, p1.statement.conclusion;
    TwoProofSpliceValid(p1, p2, q);
    I2Instance(a, c);
    CitedLineValid(q, n1 + n2, Implies(Not(a), Implies(a, c)), I2);
    MPLineValid(q, n1 + n2 + 1, Implies(a, c), n1 + n2 - 1, n1 + n2);
    MPLineValid(q, n1 + n2 + 2, c, n1 - 1, n1 + n2 + 1);
  }

  // ---------------------------------------------------------------------
  // remove_assumption

  /** The properties of a line of a valid proof that remove_assumption
      relies on: its references point backwards, and a Modus Ponens line
      refers to two lines, the second holding the implication from the first
      to the line's own formula. */
  lemma ValidLineShape(p: Proof, i: nat)
    requires IsValid(p) && i < |p.lines|
    ensures forall k :: 0 <= k < |p.lines[i].refs| ==> p.lines[i].refs[k] < i
    ensures p.lines[i].rule == Some(MP) ==>
              && |p.lines[i].refs| == 2
              && p.lines[p.lines[i].refs[1]].formula == Implies(p.lines[p.lines[i].refs[0]].formula, p.lines[i].formula)
  {
    assert LineValid(p, i);
    var l := p.lines[i];
    if l.rule == Some(MP) {
      var instance := Rule(RefFormulas(p.lines, l.refs), l.formula);
      MPInstance(instance);
    }
  }

  /** The assumption that remove_assumption removes: the last one. */
  function RemovedAssumption(proof: Proof): Formula
    requires |proof.statement.assumptions| > 0
  {
    proof.statement.assumptions[|proof.statement.assumptions| - 1]
  }

  /** The formula remove_assumption emits, citing `D`, for a Modus Ponens
      line with formula `psi` whose references hold `chi` and `iota`:
      `((phi->(chi->iota))->((phi->chi)->(phi->psi)))`. */
  function DFormulaAsWritten(phi: Formula, chi: Formula, iota: Formula, psi: Formula): Formula
  {
    Implies(Implies(phi, Implies(chi, iota)), Implies(Implies(phi, chi), Implies(phi, psi)))
  }

  /** The lines remove_assumption emits for line `i` of `proof`, the first
      of them at index `base`. */
  function EmitFor(proof: Proof, i: nat, base: nat): seq<Line>
    requires IsValid(proof) && |proof.statement.assumptions| > 0 && i < |proof.lines|
  {
    var phi := RemovedAssumption(proof);
    var line := proof.lines[i];
    var formula := line.formula;
    if line.IsAssumption() then
      if formula == phi then [Line(Implies(phi, phi), Some(I0), [])]
      else [Line(Implies(formula, Implies(phi, formula)), Some(I1), [])]
    else if line.rule.value == MP then
      ValidLineShape(proof, i);
      var chi := proof.lines[line.refs[0]].formula;
      var iota := proof.lines[line.refs[1]].formula;
      [Line(DFormulaAsWritten(phi, chi, iota, formula), Some(D), [])]
    else
      [Line(formula, line.rule, []),
       Line(Implies(formula, Implies(phi, formula)), Some(I1), []),
       Line(Implies(phi, formula), Some(MP), [base, base + 1])]
  }

  /** The lines remove_assumption emits for the first `k` lines of `proof`. */
  function Emission(proof: Proof, k: nat): seq<Line>
    requires IsValid(proof) && |proof.statement.assumptions| > 0 && k <= |proof.lines|
  {
    if k == 0 then []
    else
      var before := Emission(proof, k - 1);
      before + EmitFor(proof, k - 1, |before|)
  }

  /** The statement remove_assumption proves: the implication from the
      removed assumption to the conclusion, from the other assumptions. */
  function RemovedStatement(proof: Proof): Rule
    requires |proof.statement.assumptions| > 0
  {
    var assumptions := proof.statement.assumptions;
    Rule(assumptions[..|assumptions| - 1], Implies(RemovedAssumption(proof), proof.statement.conclusion))
  }

  /** The body of remove_assumption's loop: appends to `newLines` the lines
      emitted for line `i` of `proof`. */
  method EmitLine(proof: Proof, i: nat, newLines: seq<Line>) returns (out: seq<Line>)
    requires IsValid(proof) && |proof.statement.assumptions| > 0 && i < |proof.lines|
    ensures out == newLines + EmitFor(proof, i, |newLines|)
  {
    var assumption := RemovedAssumption(proof);
    var line := proof.lines[i];
    var formula := line.formula;
    out := newLines;
    if line.IsAssumption() {
      if formula == assumption {
        out := out + [Line(Implies(assumption, assumption), Some(I0), [])];
      } else {
        out := out + [Line(Implies(formula, Implies(assumption, formula)), Some(I1), [])];
      }
    } else {
      var ruleUsed := line.rule.value;
      if ruleUsed == MP {
        ValidLineShape(proof, i);
        var phiLine := line.refs[0];
        var implicationLine := line.refs[1];
        var dFormula := DFormulaAsWritten(assumption, proof.lines[phiLine].formula, proof.lines[implicationLine].formula, formula);
        out := out + [Line(dFormula, Some(D), [])];
      } else {
        out := out + [Line(formula, Some(ruleUsed), [])];
        var i1Formula := Implies(formula, Implies(assumption, formula));
        out := out + [Line(i1Formula, Some(I1), [])];
        var mpLine1 := |out| - 2;
        var mpLine2 := |out| - 1;
        out := out + [Line(Implies(assumption, formula), Some(MP), [mpLine1, mpLine2])];
      }
    }
  }

  /** remove_assumption as written: it walks the lines of `proof`, emitting
      one line per assumption line (`I0` for the removed assumption, `I1`
      otherwise), one `D` line per Modus Ponens line, and three lines per
      line citing an assumptionless rule; the emitted lines are returned in
      `newLines`, while the returned proof has the new statement, the new
      rules and no lines at all. */
  method RemoveAssumption(proof: Proof) returns (result: Proof, newLines: seq<Line>)
    requires IsValid(proof)
    requires |proof.statement.assumptions| > 0
    requires forall r :: r in proof.rules ==> r == MP || r.assumptions == []
    ensures result == Proof(RemovedStatement(proof), proof.rules + {MP, I0, I1, D}, [])
    ensures newLines == Emission(proof, |proof.lines|)
  {
    newLines := [];
    for i := 0 to |proof.lines|
      invariant newLines == Emission(proof, i)
    {
      newLines := EmitLine(proof, i, newLines);
    }
    var rules := proof.rules + {MP, I0, I1, D};
    result := Proof(RemovedStatement(proof), rules, []);
  }

  /** The returned proof has no lines, so it is never valid. */
  lemma RemoveAssumptionResultInvalid(proof: Proof)
    requires |proof.statement.assumptions| > 0
    ensures !IsValid(Proof(RemovedStatement(proof), proof.rules + {MP, I0, I1, D}, []))
  {
  }

  /** Each original line yields between one and three emitted lines. */
  lemma {:induction false} EmissionLength(proof: Proof, k: nat)
    requires IsValid(proof) && |proof.statement.assumptions| > 0 && k <= |proof.lines|
    ensures k <= |Emission(proof, k)| <= 3 * k
  {
    if k > 0 {
      EmissionLength(proof, k - 1);
    }
  }

  /** A prefix of `b` stays a prefix once `c` is appended to `b`. */
  lemma PrefixOfAppend<X>(a: seq<X>, b: seq<X>, c: seq<X>)
    requires |a| <= |b| && b[..|a|] == a
    ensures |a| <= |b + c| && (b + c)[..|a|] == a
  {
    assert (b + c)[..|a|] == b[..|a|];
  }

  /** Sequences with a common prefix agree on every shorter prefix. */
  lemma PrefixOfPrefix<X>(a: seq<X>, b: seq<X>, j: nat)
    requires |b| <= |a| && a[..|b|] == b && j < |b|
    ensures a[..j + 1] == b[..j + 1]
  {
    assert a[..j + 1] == a[..|b|][..j + 1];
  }

  /** The lines emitted for a prefix of the proof are a prefix of the lines
      emitted for a longer one. */
  lemma {:induction false} EmissionPrefix(proof: Proof, k: nat, k': nat)
    requires IsValid(proof) && |proof.statement.assumptions| > 0 && k <= k' <= |proof.lines|
    ensures |Emission(proof, k)| <= |Emission(proof, k')|
    ensures Emission(proof, k')[..|Emission(proof, k)|] == Emission(proof, k)
  {
    if k < k' {
      EmissionPrefix(proof, k, k' - 1);
      var shorter := Emission(proof, k' - 1);
      PrefixOfAppend(Emission(proof, k), shorter, EmitFor(proof, k' - 1, |shorter|));
    }
  }

  /** Every emitted line refers only to earlier emitted lines. */
  lemma {:induction false} EmissionRefsBackward(proof: Proof, k: nat)
    requires IsValid(proof) && |proof.statement.assumptions| > 0 && k <= |proof.lines|
    ensures RefsBackward(Emission(proof, k))
  {
    if k > 0 {
      EmissionRefsBackward(proof, k - 1);
      var before := Emission(proof, k - 1);
      var lines := Emission(proof, k);
      assert lines == before + EmitFor(proof, k - 1, |before|);
      forall j, r | 0 <= j < |lines| && 0 <= r < |lines[j].refs|
        ensures lines[j].refs[r] < j
      {
        if j < |before| {
          assert lines[j] == before[j];
        }
      }
    }
  }

  /** The `D` line emitted for a Modus Ponens line is never an instance of
      `D`: an instance whose last implication ends in `psi` has `psi` itself
      where this formula has the longer `(chi->psi)`. */
  lemma DFormulaAsWrittenNotInstance(phi: Formula, chi: Formula, psi: Formula)
    ensures !IsSpecializationOf(Rule([], DFormulaAsWritten(phi, chi, Implies(chi, psi), psi)), D)
  {
    forall m: map<string, Formula>
      ensures Specialize(D, m) != Rule([], DFormulaAsWritten(phi, chi, Implies(chi, psi), psi))
    {
      var p, q, r := Substitute(Var("p"), m), Substitute(Var("q"), m), Substitute(Var("r"), m);
      assert Substitute(Implies(Var("q"), Var("r")), m) == Implies(q, r);
      assert Substitute(Implies(Var("p"), Var("r")), m) == Implies(p, r);
      assert Substitute(Implies(Var("p"), Var("q")), m) == Implies(p, q);
      assert Substitute(Implies(Var("p"), Implies(Var("q"), Var("r"))), m) == Implies(p, Implies(q, r));
      assert Substitute(Implies(Implies(Var("p"), Var("q")), Implies(Var("p"), Var("r"))), m) ==
             Implies(Implies(p, q), Implies(p, r));
      assert Specialize(D, m).conclusion == Implies(Implies(p, Implies(q, r)), Implies(Implies(p, q), Implies(p, r)));
      assert psi != Implies(chi, psi);
    }
  }

  /** Line `j` of the lines emitted for line `i` of `proof`, read in the
      proof remove_assumption intends (the new statement, the new rules and
      all emitted lines), is justified exactly when line `i` does not cite
      Modus Ponens. */
  lemma EmittedLineValidity(proof: Proof, i: nat, j: nat)
    requires IsValid(proof)
    requires |proof.statement.assumptions| > 0
    requires forall r :: r in proof.rules ==> r == MP || r.assumptions == []
    requires i < |proof.lines|
    requires |Emission(proof, i)| <= j < |Emission(proof, i + 1)|
    ensures var all := Emission(proof, |proof.lines|);
            && j < |all|
            && (LineValid(Proof(RemovedStatement(proof), proof.rules + {MP, I0, I1, D}, all), j) <==>
                proof.lines[i].rule != Some(MP))
  {
    var rules := proof.rules + {MP, I0, I1, D};
    var all := Emission(proof, |proof.lines|);
    var upTo := Emission(proof, i + 1);
    EmissionPrefix(proof, i + 1, |proof.lines|);
    var q := Proof(RemovedStatement(proof), rules, all);
    var qi := Proof(RemovedStatement(proof), rules, upTo);
    PrefixOfPrefix(all, upTo, j);
    LineValidPrefix(qi, q, j);
    BlockLineValidity(proof, i, j);
  }

  /** As `EmittedLineValidity`, with only the lines emitted up to line `i`. */
  lemma BlockLineValidity(proof: Proof, i: nat, j: nat)
    requires IsValid(proof)
    requires |proof.statement.assumptions| > 0
    requires forall r :: r in proof.rules ==> r == MP || r.assumptions == []
    requires i < |proof.lines|
    requires |Emission(proof, i)| <= j < |Emission(proof, i + 1)|
    ensures LineValid(Proof(RemovedStatement(proof), proof.rules + {MP, I0, I1, D}, Emission(proof, i + 1)), j) <==>
            proof.lines[i].rule != Some(MP)
  {
    var rules := proof.rules + {MP, I0, I1, D};
    var phi := RemovedAssumption(proof);
    var before := Emission(proof, i);
    var base := |before|;
    var lines := Emission(proof, i + 1);
    var block := EmitFor(proof, i, base);
    assert lines == before + block;
    var qi := Proof(RemovedStatement(proof), rules, lines);
    var line := proof.lines[i];
    var formula := line.formula;
    assert lines[j] == block[j - base];
    assert RefFormulas(lines, []) == [];
    if line.IsAssumption() {
      if formula == phi {
        I0Instance(phi);
      } else {
        I1Instance(phi, formula);
      }
    } else if line.rule.value == MP {
      ValidLineShape(proof, i);
      var chi := proof.lines[line.refs[0]].formula;
      DFormulaAsWrittenNotInstance(phi, chi, formula);
    } else {
      var r := line.rule.value;
      assert LineValid(proof, i);
      SpecializationArity(Rule(RefFormulas(proof.lines, line.refs), formula), r);
      assert RefFormulas(proof.lines, line.refs) == [];
      if j == base + 1 {
        I1Instance(phi, formula);
      } else if j == base + 2 {
        assert lines[base] == block[0];
        assert lines[base + 1] == block[1];
        assert RefFormulas(lines, [base, base + 1]) == [formula, Implies(formula, Implies(phi, formula))];
        MPInstance(Rule([formula, Implies(formula, Implies(phi, formula))], Implies(phi, formula)));
      }
    }
  }

  /** Every emitted line lies in the block of exactly one input line. */
  lemma {:induction false} EmissionLocate(proof: Proof, k: nat, j: nat)
    requires IsValid(proof) && |proof.statement.assumptions| > 0 && k <= |proof.lines|
    requires j < |Emission(proof, k)|
    ensures exists i :: 0 <= i < k && |Emission(proof, i)| <= j < |Emission(proof, i + 1)|
  {
    if j < |Emission(proof, k - 1)| {
      EmissionLocate(proof, k - 1, j);
    } else {
      assert |Emission(proof, k - 1)| <= j < |Emission(proof, k)|;
    }
  }

  /** Had remove_assumption returned the lines it builds, the result would
      be valid for a proof without Modus Ponens lines whose last line is
      not an assumption other than the removed one: then neither the `D`
      shape nor the missing lines come into play. */
  lemma KeptLinesValid(proof: Proof)
    requires IsValid(proof)
    requires |proof.statement.assumptions| > 0
    requires forall r :: r in proof.rules ==> r == MP || r.assumptions == []
    requires forall i :: 0 <= i < |proof.lines| ==> proof.lines[i].rule != Some(MP)
    requires var last := proof.lines[|proof.lines| - 1];
             !last.IsAssumption() || last.formula == RemovedAssumption(proof)
    ensures IsValid(Proof(RemovedStatement(proof), proof.rules + {MP, I0, I1, D}, Emission(proof, |proof.lines|)))
  {
    var n := |proof.lines|;
    var all := Emission(proof, n);
    var q := Proof(RemovedStatement(proof), proof.rules + {MP, I0, I1, D}, all);
    forall j | 0 <= j < |all|
      ensures LineValid(q, j)
    {
      EmissionLocate(proof, n, j);
      var i :| 0 <= i < n && |Emission(proof, i)| <= j < |Emission(proof, i + 1)|;
      EmittedLineValidity(proof, i, j);
    }
    EmissionLength(proof, n);
    var before := Emission(proof, n - 1);
    var block := EmitFor(proof, n - 1, |before|);
    assert all == before + block;
    assert all[|all| - 1] == block[|block| - 1];
  }

  /** The two-line proof of `p` from `[q, p]` citing `p` twice: its kept
      lines, two `I0` lines `(p->p)`, are a valid proof of `(p->p)` from
      `[q]`. */
  lemma KeptLinesValidExample()
    ensures var p, q := Var("p"), Var("q");
            var proof := Proof(Rule([q, p], p), {}, [Line(p, None, []), Line(p, None, [])]);
            && IsValid(proof)
            && Emission(proof, 2) == [Line(Implies(p, p), Some(I0), []), Line(Implies(p, p), Some(I0), [])]
            && IsValid(Proof(RemovedStatement(proof), proof.rules + {MP, I0, I1, D}, Emission(proof, 2)))
  {
    var p, q := Var("p"), Var("q");
    var proof := Proof(Rule([q, p], p), {}, [Line(p, None, []), Line(p, None, [])]);
    assert LineValid(proof, 0);
    assert LineValid(proof, 1);
    assert RemovedAssumption(proof) == p;
    var i0Line := Line(Implies(p, p), Some(I0), []);
    assert EmitFor(proof, 0, 0) == [i0Line];
    assert Emission(proof, 1) == [] + [i0Line];
    assert EmitFor(proof, 1, 1) == [i0Line];
    assert Emission(proof, 2) == [i0Line] + [i0Line];
    KeptLinesValid(proof);
  }
}
