/** Truth values of formulas: a stand-in for the repository's evaluator.
    A model assigns a truth value to every variable name. */
module Semantics {
  import opened Syntax

  type Model = string -> bool

  function Evaluate(f: Formula, m: Model): bool
  {
    match f
    case Var(n) => m(n)
    case T => true
    case F => false
    case Not(a) => !Evaluate(a, m)
    case And(a, b) => Evaluate(a, m) && Evaluate(b, m)
    case Or(a, b) => Evaluate(a, m) || Evaluate(b, m)
    case Implies(a, b) => !Evaluate(a, m) || Evaluate(b, m)
    case Xor(a, b) => Evaluate(a, m) != Evaluate(b, m)
    case Iff(a, b) => Evaluate(a, m) == Evaluate(b, m)
    case Nand(a, b) => !(Evaluate(a, m) && Evaluate(b, m))
    case Nor(a, b) => !(Evaluate(a, m) || Evaluate(b, m))
  }

  /** Some model makes `f` true. */
  ghost predicate Satisfiable(f: Formula)
  {
    exists m: Model :: Evaluate(f, m)
  }

  /** `f` and `g` have the same truth table. */
  ghost predicate Equivalent(f: Formula, g: Formula)
  {
    forall m: Model :: Evaluate(f, m) == Evaluate(g, m)
  }
}
