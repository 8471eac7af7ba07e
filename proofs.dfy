/** Inference rules and Hilbert-style proofs: a stand-in for the repository's
    rule, proof-line and proof classes, with the local validity check the
    deduction maneuvers rely on and the fixed axiom schemas they cite. */
module Proofs {
  import opened Syntax

  datatype Option<V> = None | Some(value: V)

  /** A rule: assumption formulas and a conclusion. A proof statement is a
      rule too. */
  datatype Rule = Rule(assumptions: seq<Formula>, conclusion: Formula)

  /** A proof line: a formula and either no rule (the formula is an
      assumption of the statement) or the rule it is a specialization of,
      with the indices of the earlier lines that fill its assumptions. */
  datatype Line = Line(formula: Formula, rule: Option<Rule>, refs: seq<nat>)
  {
    predicate IsAssumption()
    {
      rule.None?
    }
  }

  datatype Proof = Proof(statement: Rule, rules: set<Rule>, lines: seq<Line>)

  /** Substitutes `m` through every formula of `r`. */
  function Specialize(r: Rule, m: map<string, Formula>): Rule
  {
    Rule(seq(|r.assumptions|, k requires 0 <= k < |r.assumptions| => Substitute(r.assumptions[k], m)),
         Substitute(r.conclusion, m))
  }

  /** `instance` is obtained from `general` by substituting formulas for
      variables. */
  ghost predicate IsSpecializationOf(instance: Rule, general: Rule)
  {
    exists m: map<string, Formula> :: Specialize(general, m) == instance
  }

  /** The formulas of the lines that `refs` points at. */
  function RefFormulas(lines: seq<Line>, refs: seq<nat>): (fs: seq<Formula>)
    requires forall k :: 0 <= k < |refs| ==> refs[k] < |lines|
    ensures |fs| == |refs|
  {
    seq(|refs|, k requires 0 <= k < |refs| => lines[refs[k]].formula)
  }

  /** Line `i` of `p` is justified: an assumption line holds one of the
      statement's assumptions and refers to nothing; any other line cites a
      rule of `p`, refers only to earlier lines, and the rule whose
      assumptions are the referenced formulas and whose conclusion is the
      line's formula is a specialization of the cited rule. */
  ghost predicate LineValid(p: Proof, i: nat)
    requires i < |p.lines|
  {
    var l := p.lines[i];
    match l.rule
    case None => l.formula in p.statement.assumptions && l.refs == []
    case Some(r) =>
      && r in p.rules
      && (forall k :: 0 <= k < |l.refs| ==> l.refs[k] < i)
      && IsSpecializationOf(Rule(RefFormulas(p.lines, l.refs), l.formula), r)
  }

  /** A valid proof has at least one line, every line is justified, and the
      last line holds the statement's conclusion. */
  ghost predicate IsValid(p: Proof)
  {
    && |p.lines| > 0
    && p.lines[|p.lines| - 1].formula == p.statement.conclusion
    && forall i :: 0 <= i < |p.lines| ==> LineValid(p, i)
  }

  // The fixed schemas of the axiomatic system that the maneuvers cite.

  /** Modus Ponens: from `p` and `(p->q)` conclude `q`. */
  const MP := Rule([Var("p"), Implies(Var("p"), Var("q"))], Var("q"))
  /** `(p->p)` */
  const I0 := Rule([], Implies(Var("p"), Var("p")))
  /** `(q->(p->q))` */
  const I1 := Rule([], Implies(Var("q"), Implies(Var("p"), Var("q"))))
  /** `((p->(q->r))->((p->q)->(p->r)))` */
  const D := Rule([], Implies(Implies(Var("p"), Implies(Var("q"), Var("r"))),
                              Implies(Implies(Var("p"), Var("q")), Implies(Var("p"), Var("r")))))
  /** `(~p->(p->q))` */
  const I2 := Rule([], Implies(Not(Var("p")), Implies(Var("p"), Var("q"))))

  /** Specializing keeps the number of assumptions. */
  lemma SpecializationArity(instance: Rule, general: Rule)
    requires IsSpecializationOf(instance, general)
    ensures |instance.assumptions| == |general.assumptions|
  {
    var m :| Specialize(general, m) == instance;
  }

  /** Every rule is a specialization of itself. */
  lemma SpecializationReflexive(r: Rule)
    ensures IsSpecializationOf(r, r)
  {
    forall k | 0 <= k < |r.assumptions| {
      SubstituteEmpty(r.assumptions[k]);
    }
    SubstituteEmpty(r.conclusion);
    assert Specialize(r, map[]) == r;
  }

  /** The instances of Modus Ponens are exactly the rules
      `[a, (a->b)] => b`. */
  lemma MPInstance(instance: Rule)
    ensures IsSpecializationOf(instance, MP) <==>
      |instance.assumptions| == 2 && instance.assumptions[1] == Implies(instance.assumptions[0], instance.conclusion)
  {
    if |instance.assumptions| == 2 && instance.assumptions[1] == Implies(instance.assumptions[0], instance.conclusion) {
      var m := map["p" := instance.assumptions[0], "q" := instance.conclusion];
      assert Substitute(Var("p"), m) == instance.assumptions[0];
      assert Substitute(Var("q"), m) == instance.conclusion;
      assert Specialize(MP, m).assumptions == instance.assumptions;
      assert Specialize(MP, m) == instance;
    }
    if IsSpecializationOf(instance, MP) {
      var m :| Specialize(MP, m) == instance;
      assert instance.assumptions[1] == Substitute(Implies(Var("p"), Var("q")), m);
    }
  }

  lemma I0Instance(a: Formula)
    ensures IsSpecializationOf(Rule([], Implies(a, a)), I0)
  {
    var m := map["p" := a];
    assert Substitute(Var("p"), m) == a;
    assert Specialize(I0, m).assumptions == [];
    assert Specialize(I0, m) == Rule([], Implies(a, a));
  }

  lemma I1Instance(a: Formula, b: Formula)
    ensures IsSpecializationOf(Rule([], Implies(b, Implies(a, b))), I1)
  {
    var m := map["p" := a, "q" := b];
    assert Substitute(Var("p"), m) == a;
    assert Substitute(Var("q"), m) == b;
    assert Substitute(Implies(Var("p"), Var("q")), m) == Implies(a, b);
    assert Specialize(I1, m).assumptions == [];
    assert Specialize(I1, m) == Rule([], Implies(b, Implies(a, b)));
  }

  lemma I2Instance(a: Formula, c: Formula)
    ensures IsSpecializationOf(Rule([], Implies(Not(a), Implies(a, c))), I2)
  {
    var m := map["p" := a, "q" := c];
    assert Substitute(Var("p"), m) == a;
    assert Substitute(Var("q"), m) == c;
    assert Substitute(Not(Var("p")), m) == Not(a);
    assert Substitute(Implies(Var("p"), Var("q")), m) == Implies(a, c);
    assert Specialize(I2, m).assumptions == [];
    assert Specialize(I2, m) == Rule([], Implies(Not(a), Implies(a, c)));
  }

  /** Line validity depends only on the statement, the rule set, the line
      itself and the lines before it. */
  lemma LineValidPrefix(p: Proof, q: Proof, i: nat)
    requires i < |p.lines| && i < |q.lines|
    requires p.statement == q.statement && p.rules == q.rules
    requires p.lines[..i + 1] == q.lines[..i + 1]
    ensures LineValid(p, i) == LineValid(q, i)
  {
    assert p.lines[i] == p.lines[..i + 1][i];
    var l := p.lines[i];
    if l.rule.Some? && (forall k :: 0 <= k < |l.refs| ==> l.refs[k] < i) {
      assert forall k :: 0 <= k < |l.refs| ==> p.lines[..i + 1][l.refs[k]] == p.lines[l.refs[k]];
      assert RefFormulas(p.lines, l.refs) == RefFormulas(q.lines, l.refs);
    }
  }
}
