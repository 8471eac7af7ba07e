/** Propositional formulas: the tree that every other module works on.
    This is a stand-in for the formula class of the repository (parsing and
    printing are not modelled). A formula is a variable, one of the constants
    `T` and `F`, a negation, or one of the binary connectives
    `&`, `|`, `->`, `+`, `<->`, `-&`, `-|`. */
module Syntax {

  datatype Formula =
    | Var(name: string)
    | T
    | F
    | Not(first: Formula)
    | And(first: Formula, second: Formula)
    | Or(first: Formula, second: Formula)
    | Implies(first: Formula, second: Formula)
    | Xor(first: Formula, second: Formula)
    | Iff(first: Formula, second: Formula)
    | Nand(first: Formula, second: Formula)
    | Nor(first: Formula, second: Formula)

  /** The variable names that occur in `f`. */
  function Variables(f: Formula): set<string>
  {
    match f
    case Var(n) => {n}
    case T => {}
    case F => {}
    case Not(a) => Variables(a)
    case And(a, b) => Variables(a) + Variables(b)
    case Or(a, b) => Variables(a) + Variables(b)
    case Implies(a, b) => Variables(a) + Variables(b)
    case Xor(a, b) => Variables(a) + Variables(b)
    case Iff(a, b) => Variables(a) + Variables(b)
    case Nand(a, b) => Variables(a) + Variables(b)
    case Nor(a, b) => Variables(a) + Variables(b)
  }

  /** The constants and operators that occur in `f`, spelled as the
      repository spells them. */
  function Operators(f: Formula): set<string>
  {
    match f
    case Var(_) => {}
    case T => {"T"}
    case F => {"F"}
    case Not(a) => {"~"} + Operators(a)
    case And(a, b) => {"&"} + Operators(a) + Operators(b)
    case Or(a, b) => {"|"} + Operators(a) + Operators(b)
    case Implies(a, b) => {"->"} + Operators(a) + Operators(b)
    case Xor(a, b) => {"+"} + Operators(a) + Operators(b)
    case Iff(a, b) => {"<->"} + Operators(a) + Operators(b)
    case Nand(a, b) => {"-&"} + Operators(a) + Operators(b)
    case Nor(a, b) => {"-|"} + Operators(a) + Operators(b)
  }

  /** Replaces every variable named in `m` by the formula it maps to;
      other variables are kept. */
  function Substitute(f: Formula, m: map<string, Formula>): Formula
  {
    match f
    case Var(n) => if n in m then m[n] else f
    case T => f
    case F => f
    case Not(a) => Not(Substitute(a, m))
    case And(a, b) => And(Substitute(a, m), Substitute(b, m))
    case Or(a, b) => Or(Substitute(a, m), Substitute(b, m))
    case Implies(a, b) => Implies(Substitute(a, m), Substitute(b, m))
    case Xor(a, b) => Xor(Substitute(a, m), Substitute(b, m))
    case Iff(a, b) => Iff(Substitute(a, m), Substitute(b, m))
    case Nand(a, b) => Nand(Substitute(a, m), Substitute(b, m))
    case Nor(a, b) => Nor(Substitute(a, m), Substitute(b, m))
  }

  /** Substituting through the empty map changes nothing. */
  lemma {:induction false} SubstituteEmpty(f: Formula)
    ensures Substitute(f, map[]) == f
  {
    match f
    case Var(_) =>
    case T =>
    case F =>
    case Not(a) => SubstituteEmpty(a);
    case And(a, b) => SubstituteEmpty(a); SubstituteEmpty(b);
    case Or(a, b) => SubstituteEmpty(a); SubstituteEmpty(b);
    case Implies(a, b) => SubstituteEmpty(a); SubstituteEmpty(b);
    case Xor(a, b) => SubstituteEmpty(a); SubstituteEmpty(b);
    case Iff(a, b) => SubstituteEmpty(a); SubstituteEmpty(b);
    case Nand(a, b) => SubstituteEmpty(a); SubstituteEmpty(b);
    case Nor(a, b) => SubstituteEmpty(a); SubstituteEmpty(b);
  }
}
