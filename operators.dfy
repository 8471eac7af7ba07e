/** Syntactic conversion of formulas into restricted operator bases:
    `~&|`, `~&`, `-&`, `->~` and `->F`. Each conversion is a structural
    recursion; each of them keeps the truth table of its input. */
module Operators {
  import opened Syntax
  import opened Semantics

  /** The formula `(p&~p)`, which is false in every model. */
  function Contradiction(): Formula
  {
    And(Var("p"), Not(Var("p")))
  }

  /** Converts `f` to an equivalent formula over `~`, `&` and `|` only.
      `T` becomes `~(p&~p)` and `F` becomes `(p&~p)`; every other connective
      is rewritten in terms of its converted operands. */
  function ToNotAndOr(f: Formula): (r: Formula)
    ensures Operators(r) <= {"~", "&", "|"}
    ensures Variables(r) <= Variables(f) + {"p"}
  {
    match f
    case Var(_) => f
    case Not(a) => Not(ToNotAndOr(a))
    case And(a, b) => And(ToNotAndOr(a), ToNotAndOr(b))
    case Or(a, b) => Or(ToNotAndOr(a), ToNotAndOr(b))
    case T => Not(Contradiction())
    case F => Contradiction()
    case Implies(a, b) => Or(Not(ToNotAndOr(a)), ToNotAndOr(b))
    case Xor(a, b) =>
      var x, y := ToNotAndOr(a), ToNotAndOr(b);
      var left, right := And(x, Not(y)), And(Not(x), y);
      assert Operators(left) + Operators(right) == {"&", "~"} + Operators(x) + Operators(y);
      assert Variables(left) + Variables(right) == Variables(x) + Variables(y);
      Or(left, right)
    case Iff(a, b) =>
      var x, y := ToNotAndOr(a), ToNotAndOr(b);
      var left, right := Or(Not(x), y), Or(Not(y), x);
      assert Operators(left) + Operators(right) == {"|", "~"} + Operators(x) + Operators(y);
      assert Variables(left) + Variables(right) == Variables(x) + Variables(y);
      And(left, right)
    case Nand(a, b) => Not(And(ToNotAndOr(a), ToNotAndOr(b)))
    case Nor(a, b) => Not(Or(ToNotAndOr(a), ToNotAndOr(b)))
  }

  lemma {:induction false} ToNotAndOrEquivalent(f: Formula, m: Model)
    ensures Evaluate(ToNotAndOr(f), m) == Evaluate(f, m)
  {
    match f
    case Var(_) =>
    case T =>
    case F =>
    case Not(a) => ToNotAndOrEquivalent(a, m);
    case And(a, b) => ToNotAndOrEquivalent(a, m); ToNotAndOrEquivalent(b, m);
    case Or(a, b) => ToNotAndOrEquivalent(a, m); ToNotAndOrEquivalent(b, m);
    case Implies(a, b) => ToNotAndOrEquivalent(a, m); ToNotAndOrEquivalent(b, m);
    case Xor(a, b) =>
      ToNotAndOrEquivalent(a, m); ToNotAndOrEquivalent(b, m);
      var x, y := ToNotAndOr(a), ToNotAndOr(b);
      assert Evaluate(And(x, Not(y)), m) == (Evaluate(x, m) && !Evaluate(y, m));
      assert Evaluate(And(Not(x), y), m) == (!Evaluate(x, m) && Evaluate(y, m));
    case Iff(a, b) =>
      ToNotAndOrEquivalent(a, m); ToNotAndOrEquivalent(b, m);
      var x, y := ToNotAndOr(a), ToNotAndOr(b);
      assert Evaluate(Or(Not(x), y), m) == (!Evaluate(x, m) || Evaluate(y, m));
      assert Evaluate(Or(Not(y), x), m) == (!Evaluate(y, m) || Evaluate(x, m));
    case Nand(a, b) => ToNotAndOrEquivalent(a, m); ToNotAndOrEquivalent(b, m);
    case Nor(a, b) => ToNotAndOrEquivalent(a, m); ToNotAndOrEquivalent(b, m);
  }

  /** A formula that already uses only variables, `~`, `&` and `|` is
      returned unchanged. */
  lemma {:induction false} ToNotAndOrIdentity(f: Formula)
    requires Operators(f) <= {"~", "&", "|"}
    ensures ToNotAndOr(f) == f
  {
    match f
    case Var(_) =>
    case Not(a) => ToNotAndOrIdentity(a);
    case And(a, b) => ToNotAndOrIdentity(a); ToNotAndOrIdentity(b);
    case Or(a, b) => ToNotAndOrIdentity(a); ToNotAndOrIdentity(b);
    case _ =>
  }

  /** The rewriting step of the `~&` conversion: `A|B` becomes `~(~A&~B)`;
      any node other than a variable, `~`, `&` or `|` is returned as is. */
  function ReplaceOr(f: Formula): (r: Formula)
    ensures Operators(f) <= {"~", "&", "|"} ==> Operators(r) <= {"~", "&"}
    ensures Variables(r) == Variables(f)
  {
    match f
    case Var(_) => f
    case Not(a) => Not(ReplaceOr(a))
    case And(a, b) => And(ReplaceOr(a), ReplaceOr(b))
    case Or(a, b) =>
      var x, y := Not(ReplaceOr(a)), Not(ReplaceOr(b));
      assert Operators(x) + Operators(y) == {"~"} + Operators(ReplaceOr(a)) + Operators(ReplaceOr(b));
      assert Variables(x) + Variables(y) == Variables(ReplaceOr(a)) + Variables(ReplaceOr(b));
      Not(And(x, y))
    case _ => f
  }

  lemma {:induction false} ReplaceOrEquivalent(f: Formula, m: Model)
    ensures Evaluate(ReplaceOr(f), m) == Evaluate(f, m)
  {
    match f
    case Not(a) => ReplaceOrEquivalent(a, m);
    case And(a, b) => ReplaceOrEquivalent(a, m); ReplaceOrEquivalent(b, m);
    case Or(a, b) =>
      ReplaceOrEquivalent(a, m); ReplaceOrEquivalent(b, m);
      var x, y := ReplaceOr(a), ReplaceOr(b);
      assert Evaluate(And(Not(x), Not(y)), m) == (!Evaluate(x, m) && !Evaluate(y, m));
    case _ =>
  }

  /** Converts `f` to an equivalent formula over `~` and `&` only. */
  function ToNotAnd(f: Formula): (r: Formula)
    ensures Operators(r) <= {"~", "&"}
    ensures Variables(r) <= Variables(f) + {"p"}
  {
    ReplaceOr(ToNotAndOr(f))
  }

  lemma ToNotAndEquivalent(f: Formula, m: Model)
    ensures Evaluate(ToNotAnd(f), m) == Evaluate(f, m)
  {
    ReplaceOrEquivalent(ToNotAndOr(f), m);
    ToNotAndOrEquivalent(f, m);
  }

  /** A formula that already uses only variables, `~` and `&` is returned
      unchanged by the `~&` conversion. */
  lemma {:induction false} ToNotAndIdentity(f: Formula)
    requires Operators(f) <= {"~", "&"}
    ensures ToNotAnd(f) == f
  {
    ToNotAndOrIdentity(f);
    ReplaceOrIdentity(f);
  }

  lemma {:induction false} ReplaceOrIdentity(f: Formula)
    requires Operators(f) <= {"~", "&"}
    ensures ReplaceOr(f) == f
  {
    match f
    case Not(a) => ReplaceOrIdentity(a);
    case And(a, b) => ReplaceOrIdentity(a); ReplaceOrIdentity(b);
    case _ =>
  }

  /** The rewriting step of the `-&` conversion: `~A` becomes `(A-&A)` and
      `A&B` becomes `((A-&B)-&(A-&B))`; any other node is returned as is. */
  function ReplaceWithNand(f: Formula): (r: Formula)
    ensures Operators(f) <= {"~", "&"} ==> Operators(r) <= {"-&"}
    ensures Variables(r) == Variables(f)
  {
    match f
    case Var(_) => f
    case Not(a) =>
      var x := ReplaceWithNand(a);
      Nand(x, x)
    case And(a, b) =>
      var x := Nand(ReplaceWithNand(a), ReplaceWithNand(b));
      Nand(x, x)
    case _ => f
  }

  lemma {:induction false} ReplaceWithNandEquivalent(f: Formula, m: Model)
    ensures Evaluate(ReplaceWithNand(f), m) == Evaluate(f, m)
  {
    match f
    case Not(a) => ReplaceWithNandEquivalent(a, m);
    case And(a, b) => ReplaceWithNandEquivalent(a, m); ReplaceWithNandEquivalent(b, m);
    case _ =>
  }

  /** Converts `f` to an equivalent formula over `-&` only. */
  function ToNand(f: Formula): (r: Formula)
    ensures Operators(r) <= {"-&"}
    ensures Variables(r) <= Variables(f) + {"p"}
  {
    ReplaceWithNand(ToNotAnd(f))
  }

  lemma ToNandEquivalent(f: Formula, m: Model)
    ensures Evaluate(ToNand(f), m) == Evaluate(f, m)
  {
    ReplaceWithNandEquivalent(ToNotAnd(f), m);
    ToNotAndEquivalent(f, m);
  }

  /** The rewriting step of the `->~` conversion: `A&B` becomes `~(A->~B)`
      and `A|B` becomes `(~A->B)`; `~` and `->` are rebuilt from their
      converted operands and any other node is returned as is. */
  function ReplaceAndOr(f: Formula): (r: Formula)
    ensures Operators(f) <= {"~", "&", "|", "->"} ==> Operators(r) <= {"->", "~"}
    ensures Variables(r) == Variables(f)
  {
    match f
    case Var(_) => f
    case Not(a) => Not(ReplaceAndOr(a))
    case And(a, b) =>
      var x, y := ReplaceAndOr(a), Not(ReplaceAndOr(b));
      assert Operators(y) == {"~"} + Operators(ReplaceAndOr(b));
      assert Variables(y) == Variables(ReplaceAndOr(b));
      Not(Implies(x, y))
    case Or(a, b) => Implies(Not(ReplaceAndOr(a)), ReplaceAndOr(b))
    case Implies(a, b) => Implies(ReplaceAndOr(a), ReplaceAndOr(b))
    case _ => f
  }

  lemma {:induction false} ReplaceAndOrEquivalent(f: Formula, m: Model)
    ensures Evaluate(ReplaceAndOr(f), m) == Evaluate(f, m)
  {
    match f
    case Not(a) => ReplaceAndOrEquivalent(a, m);
    case And(a, b) =>
      ReplaceAndOrEquivalent(a, m); ReplaceAndOrEquivalent(b, m);
      var x, y := ReplaceAndOr(a), ReplaceAndOr(b);
      assert Evaluate(Implies(x, Not(y)), m) == (!Evaluate(x, m) || !Evaluate(y, m));
    case Or(a, b) => ReplaceAndOrEquivalent(a, m); ReplaceAndOrEquivalent(b, m);
    case Implies(a, b) => ReplaceAndOrEquivalent(a, m); ReplaceAndOrEquivalent(b, m);
    case _ =>
  }

  /** Converts `f` to an equivalent formula over `->` and `~` only. */
  function ToImpliesNot(f: Formula): (r: Formula)
    ensures Operators(r) <= {"->", "~"}
    ensures Variables(r) <= Variables(f) + {"p"}
  {
    ReplaceAndOr(ToNotAndOr(f))
  }

  lemma ToImpliesNotEquivalent(f: Formula, m: Model)
    ensures Evaluate(ToImpliesNot(f), m) == Evaluate(f, m)
  {
    ReplaceAndOrEquivalent(ToNotAndOr(f), m);
    ToNotAndOrEquivalent(f, m);
  }

  /** The rewriting step of the `->F` conversion: `~A` becomes `(A->F)`;
      `->` is rebuilt from its converted operands and any other node is
      returned as is. */
  function ReplaceNot(f: Formula): (r: Formula)
    ensures Operators(f) <= {"->", "~"} ==> Operators(r) <= {"->", "F"}
    ensures Variables(r) == Variables(f)
  {
    match f
    case Var(_) => f
    case Not(a) => Implies(ReplaceNot(a), F)
    case Implies(a, b) => Implies(ReplaceNot(a), ReplaceNot(b))
    case _ => f
  }

  lemma {:induction false} ReplaceNotEquivalent(f: Formula, m: Model)
    ensures Evaluate(ReplaceNot(f), m) == Evaluate(f, m)
  {
    match f
    case Not(a) => ReplaceNotEquivalent(a, m);
    case Implies(a, b) => ReplaceNotEquivalent(a, m); ReplaceNotEquivalent(b, m);
    case _ =>
  }

  /** Converts `f` to an equivalent formula over `->` and `F` only. */
  function ToImpliesFalse(f: Formula): (r: Formula)
    ensures Operators(r) <= {"->", "F"}
    ensures Variables(r) <= Variables(f) + {"p"}
  {
    ReplaceNot(ToImpliesNot(f))
  }

  lemma ToImpliesFalseEquivalent(f: Formula, m: Model)
    ensures Evaluate(ToImpliesFalse(f), m) == Evaluate(f, m)
  {
    ReplaceNotEquivalent(ToImpliesNot(f), m);
    ToImpliesNotEquivalent(f, m);
  }

  /** Every conversion keeps the truth table of its input. */
  lemma ConversionsEquivalent(f: Formula)
    ensures Equivalent(ToNotAndOr(f), f)
    ensures Equivalent(ToNotAnd(f), f)
    ensures Equivalent(ToNand(f), f)
    ensures Equivalent(ToImpliesNot(f), f)
    ensures Equivalent(ToImpliesFalse(f), f)
  {
    forall m: Model
      ensures Evaluate(ToNotAndOr(f), m) == Evaluate(f, m)
      ensures Evaluate(ToNotAnd(f), m) == Evaluate(f, m)
      ensures Evaluate(ToNand(f), m) == Evaluate(f, m)
      ensures Evaluate(ToImpliesNot(f), m) == Evaluate(f, m)
      ensures Evaluate(ToImpliesFalse(f), m) == Evaluate(f, m)
    {
      ToNotAndOrEquivalent(f, m);
      ToNotAndEquivalent(f, m);
      ToNandEquivalent(f, m);
      ToImpliesNotEquivalent(f, m);
      ToImpliesFalseEquivalent(f, m);
    }
  }
}
